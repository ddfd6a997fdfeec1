/** The product page (src/components/ProductDetailPageComponent.tsx): the
    product id comes from the route as `Number(id)`, so it may be NaN or 0;
    the page fetches the product, shows its availability, and offers the
    wishlist heart and an add-to-cart button. */
module ProductDetail {
  import opened Wrappers
  import opened Js
  import CartContext
  import WishlistContext
  import WT = WishlistToggle

  /** The fields of the API product the page reads. */
  datatype ApiProduct = ApiProduct(id: int, title: string, price: real, stock: int, images: seq<string>, categories: seq<string>)

  /** `isFavorite()`: the loaded wishlist holds the page's product; `productId === prodId`
      never holds for a NaN id. */
  function IsFavorite(wishlist: Option<WishlistContext.WishlistDto>, prodId: JsInt): (r: bool)
    ensures prodId.NaN? ==> !r
    ensures prodId.Num? ==>
              (r <==> (wishlist.Some? &&
                       exists k :: 0 <= k < |wishlist.value.items| && wishlist.value.items[k].productId == prodId.value))
  {
    if prodId.Num? then
      WT.IsInWishlistIff(wishlist, prodId.value);
      WT.IsInWishlist(wishlist, prodId.value)
    else false
  }

  /** The effect's guard `if (!prodId) return`. */
  function ShouldFetch(prodId: JsInt): (r: bool)
    ensures r <==> prodId.Num? && prodId.value != 0
  {
    Truthy(prodId)
  }

  /** The availability line. */
  function Availability(stock: int): (text: string)
    ensures text == "Esaurito" <==> stock <= 0
  {
    if stock > 0 then NumberToString(stock) + " in magazzino" else "Esaurito"
  }

  /** The line starts with the stock count itself. */
  lemma AvailabilityShowsStock(stock: int)
    requires stock > 0
    ensures ParseInt(Availability(stock)) == Num(stock)
  {
    ParseIntOfNumberThen(stock, " in magazzino");
  }

  /** `disabled={product.stock === 0 || adding}`. */
  function AddDisabled(stock: int, adding: bool): (r: bool)
    ensures adding ==> r
    ensures !adding ==> (r <==> stock == 0)
  {
    stock == 0 || adding
  }

  /** For a stock that is not negative, the button is disabled at rest
      exactly when the page says "Esaurito". */
  lemma AvailabilityAgreesWithButton(stock: int)
    requires stock >= 0
    ensures Availability(stock) == "Esaurito" <==> AddDisabled(stock, false)
  {
  }

  class DetailPage {
    const prodId: JsInt
    var product: Option<ApiProduct>
    var loading: bool
    var error: Option<string>
    var adding: bool
    var sent: seq<int>

    constructor (prodId: JsInt)
      ensures this.prodId == prodId && product == None && loading && error == None && !adding && sent == []
    {
      this.prodId := prodId;
      product, loading, error, adding, sent := None, true, None, false, [];
    }

    /** The effect on `[prodId, token]`. */
    method Load(res: Response<ApiProduct>)
      modifies this
      ensures !ShouldFetch(prodId) ==> product == old(product) && loading == old(loading) && error == old(error) && sent == old(sent)
      ensures ShouldFetch(prodId) ==> sent == old(sent) + [prodId.value] && !loading
      ensures ShouldFetch(prodId) && res.Ok? ==> product == Some(res.payload) && error == old(error)
      ensures ShouldFetch(prodId) && res.Fail? ==> product == old(product) && error == Some("Errore: " + NumberToString(res.status))
      ensures ShouldFetch(prodId) && res.Rejected? ==> product == old(product) && error == Some(res.message)
      ensures adding == old(adding)
    {
      if !Truthy(prodId) { return; }
      loading := true;
      sent := sent + [prodId.value];
      match res {
        case Ok(p) => product := Some(p);
        case Fail(status) => error := Some("Errore: " + NumberToString(status));
        case Rejected(message) => error := Some(message);
      }
      loading := false;
    }

    /** `handleAddToCart()`: quantity 1, and `adding` is back to false once
        the store call has finished. The button is rendered only after the
        product has loaded, which needs a truthy id. */
    method HandleAddToCart(cart: CartContext.CartStore, userId: Option<JsInt>, res: Response<CartContext.CartDto>)
      requires Truthy(prodId)
      modifies this, cart
      ensures !adding
      ensures cart.State() == CartContext.Step(old(cart.State()), userId, CartContext.CartOp.AddToCart(prodId.value, Some(1)), res)
      ensures cart.sent == old(cart.sent) + (if TruthyId(userId) then [CartContext.PostItem(userId.value.value, prodId.value, 1)] else [])
      ensures product == old(product) && loading == old(loading) && error == old(error) && sent == old(sent)
    {
      adding := true;
      cart.AddToCart(userId, prodId.value, Some(1), res);
      adding := false;
    }

    /** `toggleWishlist()`: removes the product when it is a favourite and
        adds it otherwise; nothing without a user. */
    method ToggleWishlist(store: WishlistContext.WishlistStore, userId: Option<JsInt>, res: Response<WishlistContext.WishlistDto>)
      requires Truthy(prodId)
      modifies store
      ensures !TruthyId(userId) ==> store.State() == old(store.State()) && store.sent == old(store.sent)
      ensures TruthyId(userId) && IsFavorite(old(store.wishlist), prodId) ==>
                store.State() == WishlistContext.Step(old(store.State()), userId, WishlistContext.WishlistOp.RemoveFromWishlist(prodId.value), res)
                && store.sent == old(store.sent) + [WishlistContext.DeleteProduct(userId.value.value, prodId.value)]
      ensures TruthyId(userId) && !IsFavorite(old(store.wishlist), prodId) ==>
                store.State() == WishlistContext.Step(old(store.State()), userId, WishlistContext.WishlistOp.AddToWishlist(prodId.value), res)
                && store.sent == old(store.sent) + [WishlistContext.PostProduct(userId.value.value, prodId.value)]
    {
      WT.ToggleWishlist(store, userId, prodId.value, res);
    }
  }
}
