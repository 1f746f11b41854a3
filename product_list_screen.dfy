/** The admin product table (`ProductListScreen.jsx`): the image URL each
    row shows, and what the screen's first effect does when it runs. The
    base URL is the build-time `REACT_APP_API_URL`, `None` when unset; the
    actions dispatched are opaque entries. */
module ProductListScreen {
  import opened Wrappers
  import opened Text
  import opened Json
  import Routes

  /** The placeholder shown when a product has no image. */
  const DefaultImage := "/default-image.png"

  /** Where the server stores uploaded product images. */
  const MediaPrefix := "/media/products/"

  /** `${BASE_URL}`: an unset variable is spelled `undefined`. */
  function BaseText(base: Option<string>): (r: string)
    ensures base.Some? ==> r == base.value
    ensures base.None? ==> r == "undefined"
  {
    match base
    case None => "undefined"
    case Some(b) => b
  }

  /** The `imageUrl` of a row, from `product.image`: the placeholder for a
      falsy image; a string image joined to the base, with the media
      folder put in front unless it is already there. `None` is the
      `TypeError` a truthy image that is not a string raises (it has no
      `startsWith`). */
  function ImageUrl(base: Option<string>, image: Option<Json>): (r: Option<string>)
    ensures r.None? <==> Truthy(image) && !image.value.JStr?
    ensures !Truthy(image) ==> r == Some(DefaultImage)
  {
    if !Truthy(image) then Some(DefaultImage)
    else
      match image.value
      case JStr(s) =>
        Some(if StartsWith(s, MediaPrefix) then BaseText(base) + s
             else BaseText(base) + MediaPrefix + s)
      case _ => None
  }

  /** The image URL of a row; reading `image` of a `null` product throws. */
  function RowImageUrl(base: Option<string>, product: Json): (r: Option<string>)
    ensures product.JNull? ==> r.None?
    ensures !product.JNull? ==> r == ImageUrl(base, Get(product, "image"))
  {
    if product.JNull? then None else ImageUrl(base, Get(product, "image"))
  }

  /** The media path an image name stands for: the name itself when it
      already starts with the media folder, else the name inside it. */
  function MediaPath(s: string): (p: string)
    ensures StartsWith(p, MediaPrefix)
  {
    if StartsWith(s, MediaPrefix) then s
    else
      var p := MediaPrefix + s;
      assert p[..|MediaPrefix|] == MediaPrefix;
      p
  }

  /** Every non-empty string image is shown as the base followed by its
      media path, so every such URL points into the media folder. */
  lemma StringImageUrl(base: Option<string>, s: string)
    requires s != []
    ensures ImageUrl(base, Some(JStr(s))) == Some(BaseText(base) + MediaPath(s))
    ensures StartsWith(MediaPath(s), MediaPrefix)
  {
    if !StartsWith(s, MediaPrefix) {
      assert BaseText(base) + MediaPrefix + s == BaseText(base) + (MediaPrefix + s);
    }
  }

  /** An image already under the media folder is used as it is. */
  lemma PrefixedImage(base: Option<string>, s: string)
    requires StartsWith(s, MediaPrefix)
    ensures ImageUrl(base, Some(JStr(s))) == Some(BaseText(base) + s)
  {
    assert s != [];
  }

  /** A bare file name is looked up in the media folder. */
  lemma BareImage(base: Option<string>, s: string)
    requires s != [] && !StartsWith(s, MediaPrefix)
    ensures ImageUrl(base, Some(JStr(s))) == Some(BaseText(base) + MediaPrefix + s)
  {
  }

  /** Normalisation: naming an image with or without the media folder in
      front gives the same URL. */
  lemma PrefixNormalises(base: Option<string>, s: string)
    requires s != [] && !StartsWith(s, MediaPrefix)
    ensures ImageUrl(base, Some(JStr(MediaPrefix + s))) == ImageUrl(base, Some(JStr(s)))
  {
    var p := MediaPrefix + s;
    assert p[..|MediaPrefix|] == MediaPrefix;
    assert BaseText(base) + p == BaseText(base) + MediaPrefix + s;
  }

  /** Putting the media folder in front of a media path changes nothing
      more: `MediaPath` is idempotent. */
  lemma MediaPathIdempotent(s: string)
    ensures MediaPath(MediaPath(s)) == MediaPath(s)
  {
  }

  // ---------------------------------------------------------------------
  // The first effect (lines 45-62)
  // ---------------------------------------------------------------------

  /** The actions the effect dispatches. */
  datatype Action = ProductCreateReset | ListProducts

  /** One thing the effect does, in order. `ShowCreated` is raising the
      "Product created" banner and arming the timer that later opens the
      new product's edit page. */
  datatype Step = Dispatch(action: Action) | Navigate(path: string) | ShowCreated

  /** `userInfo && userInfo.isAdmin`. */
  predicate IsAdmin(userInfo: Option<Json>) {
    Truthy(userInfo) && Truthy(Get(userInfo.value, "isAdmin"))
  }

  /** One run of the effect: reset the create slice, send a visitor who is
      not an administrator to the login page, then either announce the
      product just created or reload the list. Navigating does not end the
      effect. */
  function Effect(userInfo: Option<Json>, successCreate: Option<Json>): (r: seq<Step>)
    ensures 2 <= |r| <= 3 && r[0] == Dispatch(ProductCreateReset)
    ensures Navigate(Routes.LoginPath) in r <==> !IsAdmin(userInfo)
    ensures Dispatch(ListProducts) in r <==> !Truthy(successCreate)
    ensures ShowCreated in r <==> Truthy(successCreate)
    ensures r[|r| - 1] == (if Truthy(successCreate) then ShowCreated else Dispatch(ListProducts))
  {
    var guard := if IsAdmin(userInfo) then [] else [Navigate(Routes.LoginPath)];
    var last := if Truthy(successCreate) then ShowCreated else Dispatch(ListProducts);
    [Dispatch(ProductCreateReset)] + guard + [last]
  }

  /** The reset comes first and happens exactly once, whoever is looking. */
  lemma ResetOnce(userInfo: Option<Json>, successCreate: Option<Json>)
    ensures var r := Effect(userInfo, successCreate);
      forall i | 0 <= i < |r| :: r[i] == Dispatch(ProductCreateReset) <==> i == 0
  {
  }

  /** A visitor who is not an administrator is sent to the page that shows
      the login form, and the list is still requested. */
  lemma GuardLeadsToLogin(userInfo: Option<Json>)
    requires !IsAdmin(userInfo)
    ensures Effect(userInfo, None) == [Dispatch(ProductCreateReset), Navigate(Routes.LoginPath), Dispatch(ListProducts)]
    ensures Routes.Resolve(Routes.LoginPath) == Some(Routes.LoginScreen)
  {
    Routes.LoginRouted();
  }
}
